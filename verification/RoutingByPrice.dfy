/** The routing law once more, from the providers' own price lists and the breakers, without the sort key. */
module RoutingByPrice {
  import opened Common
  import opened Registry
  import opened Pricing
  import opened CircuitBreaker
  import opened Router

  // ---------------------------------------------------------------------------
  // Names and prices
  // ---------------------------------------------------------------------------

  /** Dictionary order: `a` is a beginning of `b`, or smaller at the first place where they differ. */
  ghost predicate NameUpTo(a: string, b: string) {
    a <= b || exists i :: DiffersAt(a, b, i)
  }

  predicate DiffersAt(a: string, b: string, i: int) {
    0 <= i < |a| && i < |b| && a[..i] == b[..i] && a[i] < b[i]
  }

  lemma SameBeginning(a: string, b: string, i: int)
    requires DiffersAt(a, b, i)
    ensures i > 0 ==> a[0] == b[0]
  {
    assert i > 0 ==> a[0] == a[..i][0] && b[0] == b[..i][0];
  }

  lemma {:induction false} TextLeqIsDictionaryOrder(a: string, b: string)
    ensures TextLeq(a, b) <==> NameUpTo(a, b)
  {
    if a != "" && b != "" {
      var a', b' := a[1..], b[1..];
      assert a == [a[0]] + a' && b == [b[0]] + b';
      if a[0] == b[0] {
        TextLeqIsDictionaryOrder(a', b');
        if i :| DiffersAt(a', b', i) {
          assert a[..i + 1] == [a[0]] + a'[..i] && b[..i + 1] == [b[0]] + b'[..i];
          assert DiffersAt(a, b, i + 1);
        }
        if i :| DiffersAt(a, b, i) {
          assert a[..i] == [a[0]] + a'[..i - 1] && b[..i] == [b[0]] + b'[..i - 1];
          assert a'[..i - 1] == a[..i][1..] && b'[..i - 1] == b[..i][1..];
          assert DiffersAt(a', b', i - 1);
        }
      } else {
        if a[0] < b[0] {
          assert DiffersAt(a, b, 0);
        }
        if i :| DiffersAt(a, b, i) {
          SameBeginning(a, b, i);
        }
      }
    }
  }

  /** The first entry of a price list for a model. */
  ghost predicate FirstFor(specs: seq<ModelSpec>, model: string, i: int) {
    0 <= i < |specs| && specs[i].name == model && forall j :: 0 <= j < i ==> specs[j].name != model
  }

  /** An entry that no other undercuts, by output cost and then by input cost. */
  ghost predicate LeastOf(specs: seq<ModelSpec>, i: int) {
    && 0 <= i < |specs|
    && forall j :: 0 <= j < |specs| ==>
         specs[i].outputCost < specs[j].outputCost
         || (specs[i].outputCost == specs[j].outputCost && specs[i].inputCost <= specs[j].inputCost)
  }

  /** Entry `i` of the list decides what the provider costs for the request. */
  ghost predicate Decides(p: Provider, q: ChatRequest, i: int) {
    match q.model
    case Some(model) => FirstFor(p.specs, model, i)
    case None => LeastOf(p.specs, i)
  }

  /** The two prices of a provider for a request; nothing listed costs nothing. */
  ghost predicate Costs(p: Provider, q: ChatRequest, output: real, input: real) {
    || (exists i :: Decides(p, q, i) && output == p.specs[i].outputCost && input == p.specs[i].inputCost)
    || ((forall i :: !Decides(p, q, i)) && output == 0.0 && input == 0.0)
  }

  lemma {:induction false} PriceIsFirstFor(specs: seq<ModelSpec>, model: string)
    ensures var price := PriceFor(specs, model);
            || (exists i :: FirstFor(specs, model, i) && price == (specs[i].inputCost, specs[i].outputCost))
            || ((forall i :: !FirstFor(specs, model, i)) && price == (0.0, 0.0))
  {
    if specs == [] {
    } else if specs[0].name == model {
      assert FirstFor(specs, model, 0);
    } else {
      PriceIsFirstFor(specs[1..], model);
      forall i
        ensures FirstFor(specs[1..], model, i) <==> i >= 0 && FirstFor(specs, model, i + 1)
      {
        FirstForShifts(specs, model, i);
      }
      if i :| FirstFor(specs[1..], model, i) && PriceFor(specs, model) == (specs[1..][i].inputCost, specs[1..][i].outputCost) {
        assert FirstFor(specs, model, i + 1);
      } else {
        forall i
          ensures !FirstFor(specs, model, i)
        {
          assert i > 0 ==> (FirstFor(specs[1..], model, i - 1) <==> FirstFor(specs, model, (i - 1) + 1));
        }
      }
    }
  }

  lemma FirstForShifts(specs: seq<ModelSpec>, model: string, i: int)
    requires specs != [] && specs[0].name != model
    ensures FirstFor(specs[1..], model, i) <==> i >= 0 && FirstFor(specs, model, i + 1)
  {
    if i >= 0 && FirstFor(specs, model, i + 1) {
      forall j | 0 <= j < i
        ensures specs[1..][j].name != model
      {
        assert specs[1..][j] == specs[j + 1];
      }
    }
    if FirstFor(specs[1..], model, i) {
      forall j | 0 <= j < i + 1
        ensures specs[j].name != model
      {
        assert j > 0 ==> specs[j] == specs[1..][j - 1];
      }
    }
  }

  lemma CheapestIsLeastOf(specs: seq<ModelSpec>)
    requires specs != []
    ensures exists i :: LeastOf(specs, i) && specs[i] == Cheapest(specs)
  {
    CheapestIsLeast(specs);
    var i :| 0 <= i < |specs| && specs[i] == Cheapest(specs);
    assert LeastOf(specs, i);
  }

  /** The sort key holds those prices, and they are the only ones. */
  lemma KeyHoldsCosts(p: Provider, q: ChatRequest)
    ensures Costs(p, q, SortKey(p, q).output, SortKey(p, q).input) && SortKey(p, q).name == p.name
    ensures forall o, i :: Costs(p, q, o, i) ==> o == SortKey(p, q).output && i == SortKey(p, q).input
  {
    if q.model.Some? {
      PriceIsFirstFor(p.specs, q.model.value);
      var price := PriceFor(p.specs, q.model.value);
      if i :| FirstFor(p.specs, q.model.value, i) && price == (p.specs[i].inputCost, p.specs[i].outputCost) {
        assert Decides(p, q, i);
      } else {
        assert forall i :: !Decides(p, q, i);
      }
    } else if p.specs == [] {
      assert forall i :: !Decides(p, q, i);
    } else {
      CheapestIsLeastOf(p.specs);
      var i :| LeastOf(p.specs, i) && p.specs[i] == Cheapest(p.specs);
      assert Decides(p, q, i);
    }
  }

  /** `a` is to be called before `b`, or is `b`: cheaper output, then cheaper input, then the smaller name. */
  ghost predicate NoLater(a: Provider, b: Provider, q: ChatRequest) {
    forall oa, ia, ob, ib :: Costs(a, q, oa, ia) && Costs(b, q, ob, ib) ==>
      oa < ob || (oa == ob && (ia < ib || (ia == ib && NameUpTo(a.name, b.name))))
  }

  lemma OrderIsByPrice(a: Provider, b: Provider, q: ChatRequest)
    ensures NotDearer(a, b, q) <==> NoLater(a, b, q)
  {
    KeyHoldsCosts(a, q);
    KeyHoldsCosts(b, q);
    TextLeqIsDictionaryOrder(a.name, b.name);
  }

  // ---------------------------------------------------------------------------
  // The law
  // ---------------------------------------------------------------------------

  function BreakerOf(board: Board, name: string): BreakerView {
    if name in board then board[name] else NEW_BREAKER
  }

  /** A provider's breaker once the pool has been polled. */
  function Seen(s: Settings, board: Board, o: Oracle, p: Provider): BreakerView {
    OnPoll(s, BreakerOf(board, p.name), o.pollAt(p))
  }

  ghost predicate Callable(s: Settings, board: Board, o: Oracle, pool: seq<Provider>, p: Provider) {
    p in pool && Seen(s, board, o, p).state != Open
  }

  /** Every provider called but the last failed transiently; the last settled the request if it did not. */
  ghost predicate CallsSettle(o: Oracle, calls: seq<Provider>, r: RouteResult) {
    && (forall i :: 0 <= i < |calls| - 1 ==> o.outcome(calls[i]) == Transient)
    && match r
       case NoHealthyProvider => calls == []
       case AllFailed => calls != [] && o.outcome(calls[|calls| - 1]) == Transient
       case Answered(who) => calls != [] && who == calls[|calls| - 1] && o.outcome(who) == Terminal
       case Raised(who) =>
         calls != [] && who == calls[|calls| - 1] && o.outcome(who) in {NoTerminal, Permanent, Escaped}
  }

  /** The calls are in order of price, each provider once, and stop only at the one that settled the request. */
  ghost predicate CallsByPrice(s: Settings, board: Board, o: Oracle, pool: seq<Provider>, q: ChatRequest, calls: seq<Provider>,
                               r: RouteResult) {
    && (forall i, j :: 0 <= i < j < |calls| ==> calls[i] != calls[j] && NoLater(calls[i], calls[j], q))
    && (forall p :: p in calls ==> Callable(s, board, o, pool, p))
    && (forall p :: Callable(s, board, o, pool, p) && p !in calls ==> Later(p, calls, q, r))
  }

  /** A callable provider is left alone only because one that settled the request comes before it. */
  ghost predicate Later(p: Provider, calls: seq<Provider>, q: ChatRequest, r: RouteResult) {
    && (r.Answered? || r.Raised?)
    && forall c :: c in calls ==> NoLater(c, p, q)
  }

  /** What a call leaves in the breaker of the provider called. */
  function Told(s: Settings, b: BreakerView, o: Oracle, p: Provider): BreakerView {
    match o.outcome(p)
    case Terminal => OnSuccess(b)
    case Escaped => b
    case NoTerminal => OnFailure(s, b, o.failAt(p))
    case Transient => OnFailure(s, b, o.failAt(p))
    case Permanent => OnFailure(s, b, o.failAt(p))
  }

  /** Each provider called is charged its outcome, the rest of the pool is polled, nobody else is touched. */
  ghost predicate BreakersTold(s: Settings, board: Board, o: Oracle, pool: seq<Provider>, calls: seq<Provider>, now: Board) {
    && (forall p :: p in pool ==>
          BreakerOf(now, p.name) == if p in calls then Told(s, Seen(s, board, o, p), o, p) else Seen(s, board, o, p))
    && forall n :: (forall p :: p in pool ==> p.name != n) ==> BreakerOf(now, n) == BreakerOf(board, n)
  }

  lemma SameRankIsSame(pool: seq<Provider>, a: Provider, b: Provider, q: ChatRequest)
    requires UniqueNames(pool) && a in pool && b in pool && NotDearer(a, b, q) && NotDearer(b, a, q)
    ensures a == b
  {
    LeqIsAnOrder(SortKey(a, q), SortKey(b, q));
  }

  /** A call that did not fail transiently is the one that settled the request, and the last. */
  lemma SettlerIsLast(s: Settings, board: Board, o: Oracle, pool: seq<Provider>, q: ChatRequest, r: RouteResult,
                      calls: seq<Provider>, i: nat)
    requires UniqueNames(pool) && RightResult(s, board, o, pool, q, r) && RightCalls(s, board, o, pool, q, r, calls)
    requires i < |calls| && (o.outcome(calls[i]) != Transient || ((r.Answered? || r.Raised?) && calls[i] == r.who))
    ensures (r.Answered? || r.Raised?) && calls[i] == r.who && i == |calls| - 1
  {
    var p, last := calls[i], calls[|calls| - 1];
    assert Reached(s, board, o, pool, q, r, p) && Reached(s, board, o, pool, q, r, last);
    assert r.Answered? || r.Raised?;
    if p != r.who {
      SameRankIsSame(pool, p, r.who, q);
    }
    if i < |calls| - 1 {
      SameRankIsSame(pool, p, last, q);
    }
  }

  lemma ResultIsOfCalls(s: Settings, board: Board, o: Oracle, pool: seq<Provider>, q: ChatRequest, r: RouteResult,
                        calls: seq<Provider>)
    requires UniqueNames(pool) && RightResult(s, board, o, pool, q, r) && RightCalls(s, board, o, pool, q, r, calls)
    ensures CallsSettle(o, calls, r)
  {
    forall i | 0 <= i < |calls| - 1
      ensures o.outcome(calls[i]) == Transient
    {
      if o.outcome(calls[i]) != Transient {
        SettlerIsLast(s, board, o, pool, q, r, calls, i);
      }
    }
    match r
    case NoHealthyProvider =>
      assert calls != [] ==> Reached(s, board, o, pool, q, r, calls[0]);
    case AllFailed =>
      var p :| Candidate(s, board, o, pool, p);
      assert Reached(s, board, o, pool, q, r, p);
      assert Reached(s, board, o, pool, q, r, calls[|calls| - 1]);
    case Answered(who) =>
      WhoIsCalled(s, board, o, pool, q, r, calls);
    case Raised(who) =>
      WhoIsCalled(s, board, o, pool, q, r, calls);
  }

  lemma WhoIsCalled(s: Settings, board: Board, o: Oracle, pool: seq<Provider>, q: ChatRequest, r: RouteResult, calls: seq<Provider>)
    requires UniqueNames(pool) && RightResult(s, board, o, pool, q, r) && RightCalls(s, board, o, pool, q, r, calls)
    requires r.Answered? || r.Raised?
    ensures calls != [] && calls[|calls| - 1] == r.who
  {
    LeqIsAnOrder(SortKey(r.who, q), SortKey(r.who, q));
    assert Reached(s, board, o, pool, q, r, r.who);
    var i :| 0 <= i < |calls| && calls[i] == r.who;
    SettlerIsLast(s, board, o, pool, q, r, calls, i);
  }

  lemma CallsAreByPrice(s: Settings, board: Board, o: Oracle, pool: seq<Provider>, q: ChatRequest, r: RouteResult,
                        calls: seq<Provider>)
    requires UniqueNames(pool) && RightResult(s, board, o, pool, q, r) && RightCalls(s, board, o, pool, q, r, calls)
    ensures CallsByPrice(s, board, o, pool, q, calls, r)
  {
    forall i, j | 0 <= i < j < |calls|
      ensures calls[i] != calls[j] && NoLater(calls[i], calls[j], q)
    {
      OrderIsByPrice(calls[i], calls[j], q);
    }
    forall p | Callable(s, board, o, pool, p)
      ensures Candidate(s, board, o, pool, p)
    {}
    forall p | Callable(s, board, o, pool, p) && p !in calls
      ensures Later(p, calls, q, r)
    {
      LeftAlone(s, board, o, pool, q, r, calls, p);
    }
    forall p | p in calls
      ensures Callable(s, board, o, pool, p)
    {
      assert Reached(s, board, o, pool, q, r, p);
    }
  }

  lemma LeftAlone(s: Settings, board: Board, o: Oracle, pool: seq<Provider>, q: ChatRequest, r: RouteResult,
                  calls: seq<Provider>, p: Provider)
    requires RightCalls(s, board, o, pool, q, r, calls) && Candidate(s, board, o, pool, p) && p !in calls
    ensures Later(p, calls, q, r)
  {
    assert !Reached(s, board, o, pool, q, r, p);
    LeqIsAnOrder(SortKey(p, q), SortKey(r.who, q));
    forall c | c in calls
      ensures NoLater(c, p, q)
    {
      assert Reached(s, board, o, pool, q, r, c);
      LeqTransitive(SortKey(c, q), SortKey(r.who, q), SortKey(p, q));
      OrderIsByPrice(c, p, q);
    }
  }

  lemma BreakersAreTold(s: Settings, board: Board, o: Oracle, pool: seq<Provider>, q: ChatRequest, r: RouteResult,
                        calls: seq<Provider>, now: Board)
    requires UniqueNames(pool) && Routed(s, board, o, pool, q, r, calls, now)
    ensures BreakersTold(s, board, o, pool, calls, now)
  {
    forall p | p in pool
      ensures BreakerOf(now, p.name) == if p in calls then Told(s, Seen(s, board, o, p), o, p) else Seen(s, board, o, p)
    {
      assert At(now, p.name) == FinalView(s, board, o, pool, q, r, p);
      if p in calls {
        var i :| 0 <= i < |calls| && calls[i] == p;
        assert Reached(s, board, o, pool, q, r, p);
        if o.outcome(p) != Transient {
          SettlerIsLast(s, board, o, pool, q, r, calls, i);
        }
      }
    }
    forall n | forall p :: p in pool ==> p.name != n
      ensures BreakerOf(now, n) == BreakerOf(board, n)
    {
      assert NameOutside(pool, n);
    }
  }

  /**
   With distinct provider names: the providers whose breakers are not open are called in order of output price,
   input price and name, each once, as long as they fail transiently; the first that does not settles the
   request; every call is charged to its provider's breaker and to no other.
   */
  lemma RouteIsByPrice(s: Settings, board: Board, o: Oracle, pool: seq<Provider>, q: ChatRequest)
    requires UniqueNames(pool)
    ensures var (r, calls, now) := Route(s, board, o, pool, q);
            && CallsByPrice(s, board, o, pool, q, calls, r)
            && CallsSettle(o, calls, r)
            && BreakersTold(s, board, o, pool, calls, now)
  {
    var (r, calls, now) := Route(s, board, o, pool, q);
    RouteIsRight(s, board, o, pool, q);
    CallsAreByPrice(s, board, o, pool, q, r, calls);
    ResultIsOfCalls(s, board, o, pool, q, r, calls);
    BreakersAreTold(s, board, o, pool, q, r, calls, now);
  }
}
